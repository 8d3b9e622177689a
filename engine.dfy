/** The Engine capability: a closed set of engine kinds, each with a fixed label. */
module Engines {
  import opened Wrappers
  import opened Text

  datatype Engine = SportEngine | DieselEngine {
    /** The label the engine reports about itself. */
    function GetType(): string {
      match this
      case SportEngine => "Sport Engine"
      case DieselEngine => "Diesel Engine"
    }
  }

  /** Reads an engine label off the front of `s`. */
  function ParseEngine(s: string): Option<(Engine, string)> {
    match StripPrefix(SportEngine.GetType(), s)
    case Some(rest) => Some((SportEngine, rest))
    case None =>
      match StripPrefix(DieselEngine.GetType(), s)
      case Some(rest) => Some((DieselEngine, rest))
      case None => None
  }

  lemma EngineRoundTrip(e: Engine, t: string)
    ensures ParseEngine(e.GetType() + t) == Some((e, t))
  {
    StripPrefixConcat(e.GetType(), t);
    if e == DieselEngine {
      assert (e.GetType() + t)[0] == 'D';
    }
  }

  /** Different engines report different labels, so the label identifies the engine. */
  lemma GetTypeInjective(e1: Engine, e2: Engine)
    ensures e1.GetType() == e2.GetType() <==> e1 == e2
  {
  }
}
