/** The five territories of the map, common to both versions of the game. */
module Territory {
  datatype Country = France | Germany | Spain | Italy | Poland

  /** The order of the `countries` dictionary, in which every scan visits them. */
  const Countries: seq<Country> := [France, Germany, Spain, Italy, Poland]

  /** Every territory is listed exactly once. */
  lemma CountriesListed(c: Country)
    ensures c in Countries
    ensures forall i, j :: 0 <= i < j < |Countries| ==> Countries[i] != Countries[j]
  {
  }

  /** The position of each territory in dictionary order. */
  function Index(c: Country): (i: nat)
    ensures i < |Countries| && Countries[i] == c
  {
    match c
    case France => 0
    case Germany => 1
    case Spain => 2
    case Italy => 3
    case Poland => 4
  }

  /** A dictionary keyed by territory, with an entry for every territory. */
  datatype PerCountry<V> = PerCountry(france: V, germany: V, spain: V, italy: V, poland: V)
  {
    function Get(c: Country): V
    {
      match c
      case France => france
      case Germany => germany
      case Spain => spain
      case Italy => italy
      case Poland => poland
    }

    /** The dictionary with c's entry replaced by v; the other entries are kept. */
    function Set(c: Country, v: V): (r: PerCountry<V>)
      ensures r.Get(c) == v
      ensures forall d :: d != c ==> r.Get(d) == Get(d)
    {
      match c
      case France => this.(france := v)
      case Germany => this.(germany := v)
      case Spain => this.(spain := v)
      case Italy => this.(italy := v)
      case Poland => this.(poland := v)
    }
  }

  /** The dictionary with every entry v. */
  function Fill<V>(v: V): (r: PerCountry<V>)
    ensures forall c :: r.Get(c) == v
  {
    PerCountry(v, v, v, v, v)
  }
}
