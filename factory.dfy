/** The algorithm factory: the registry of selectable strategies by name,
    the lookup that builds one, and the listing of the registry with its
    descriptions. */
module Factory {
  import opened Wrappers
  import opened Base
  import opened Loading

  /** The keys of `algorithm_map`, in the order the dictionary holds them. */
  const Names: seq<string> := ["XY_Axis_Loading", "X_Distribution", "Y_Distribution", "RL_Loading"]

  /** `algorithm_map`: the name a caller selects to the strategy it builds. */
  const AlgorithmMap: map<string, Kind> := map[
    "XY_Axis_Loading" := XYAxisLoading,
    "X_Distribution" := XDistributionLoading,
    "Y_Distribution" := YDistributionLoading,
    "RL_Loading" := ReinforcementLearningLoading]

  /** The registry key of a strategy the factory offers; the layered
      strategy has none. */
  function KeyOf(k: Kind): Option<string>
  {
    match k
    case XYAxisLoading => Some("XY_Axis_Loading")
    case XDistributionLoading => Some("X_Distribution")
    case YDistributionLoading => Some("Y_Distribution")
    case ZDistributionLoading => None
    case ReinforcementLearningLoading => Some("RL_Loading")
  }

  /** The total length of the strings of `xs`. */
  function TotalLength(xs: seq<string>): nat
  {
    if xs == [] then 0 else |xs[0]| + TotalLength(xs[1..])
  }

  /** `sep.join(xs)`: the strings of `xs`, one separator between each two. */
  function Join(sep: string, xs: seq<string>): (r: string)
    ensures |xs| > 0 ==> |r| == TotalLength(xs) + (|xs| - 1) * |sep|
    ensures |xs| > 0 ==> r[..|xs[0]|] == xs[0]
    ensures xs == [] ==> r == ""
  {
    if xs == [] then ""
    else if |xs| == 1 then xs[0]
    else xs[0] + sep + Join(sep, xs[1..])
  }

  /** The `ValueError` message for a name the registry lacks. */
  function UnknownMessage(name: string): string
  {
    "Nieznany algorytm: " + name + ". Dostępne algorytmy: " + Join(", ", Names)
  }

  /** The lookup of `get_algorithm`: the strategy registered under the name,
      or the error naming every registered key. */
  function Resolve(name: string): (r: Result<Kind, string>)
    ensures r.Ok? <==> name in Names
    ensures r.Ok? ==> r.value == AlgorithmMap[name]
    ensures r.Err? ==> r.error == UnknownMessage(name)
  {
    if name in AlgorithmMap then Ok(AlgorithmMap[name]) else Err(UnknownMessage(name))
  }

  /** `get_algorithm`: a new instance of the registered strategy, built with
      the caller's configuration (an absent one is the empty map). */
  method GetAlgorithm(name: string, cfg: Config) returns (r: Result<Algorithm, string>)
    ensures r.Err? <==> Resolve(name).Err?
    ensures r.Err? ==> r.error == UnknownMessage(name)
    ensures r.Ok? ==> var a := r.value;
      && fresh(a) && fresh(a.trailer) && a.Valid()
      && a.kind == AlgorithmMap[name] && a.name == NameOf(a.kind)
      && a.config == Merge(DefaultsOf(a.kind), cfg)
      && a.trailer.loaded == [] && a.trailer.GridClear()
  {
    var k := Resolve(name);
    if k.Err? {
      return Err(k.error);
    }
    var a := new Algorithm(k.value, cfg);
    r := Ok(a);
  }

  /** `list_available_algorithms`: every registered name with its description. */
  function ListAvailableAlgorithms(): (d: map<string, string>)
    ensures d.Keys == AlgorithmMap.Keys
  {
    map[
      "XY_Axis_Loading" := "Metoda załadunku wzdłuż osi X oraz osi Y, która optymalizuje wykorzystanie przestrzeni naczepy.",
      "X_Distribution" := "Metoda załadunku optymalizująca rozkład masy wzdłuż osi X naczepy.",
      "Y_Distribution" := "Metoda załadunku optymalizująca rozkład masy wzdłuż osi Y naczepy.",
      "RL_Loading" := "Metoda załadunku wykorzystująca algorytm uczenia ze wzmocnieniem (reinforcement learning)."]
  }

  // ---------------------------------------------------------------------
  // Properties of the registry

  /** The key list is the map's key set, without repetition. */
  lemma NamesAreKeys()
    ensures forall n :: n in Names <==> n in AlgorithmMap
    ensures forall i, j :: 0 <= i < j < |Names| ==> Names[i] != Names[j]
  {
  }

  /** The error message lists the registered names, comma-separated, in order. */
  lemma UnknownMessageText(name: string)
    ensures UnknownMessage(name) ==
      "Nieznany algorytm: " + name + ". Dostępne algorytmy: " +
      ("XY_Axis_Loading" + ", " + ("X_Distribution" + ", " + ("Y_Distribution" + ", " + "RL_Loading")))
  {
    assert Names[3..] == ["RL_Loading"] && Names[2..][1..] == Names[3..];
    assert Join(", ", Names[2..]) == "Y_Distribution" + ", " + "RL_Loading";
    assert Names[1..][1..] == Names[2..];
    assert Join(", ", Names[1..]) == "X_Distribution" + ", " + ("Y_Distribution" + ", " + "RL_Loading");
  }

  /** Lookup and registry key are inverse: a name resolves to a strategy
      whose key is that name, and every keyed strategy is found under its key. */
  lemma ResolveKeyRoundTrip(name: string, k: Kind)
    ensures Resolve(name) == Ok(k) <==> KeyOf(k) == Some(name)
  {
  }

  /** The layered strategy and unregistered names cannot be built. */
  lemma LayeredNotOffered(name: string)
    ensures Resolve(name).Ok? ==> Resolve(name).value != ZDistributionLoading
    ensures Resolve("Z_Distribution").Err? && Resolve("XZ_Axis_Loading").Err?
  {
  }

  /** Every listed algorithm can be built, and nothing else is listed. */
  lemma ListedAreBuildable(name: string)
    ensures name in ListAvailableAlgorithms() <==> Resolve(name).Ok?
  {
  }
}
