/** Plain records the reducers carry around. */
module Models {
  import opened Wrappers

  datatype Opening = Opening(id: string, name: string, description: string,
                             playerCount: Option<string>, setupTime: Option<string>)

  datatype WarmUpCategory = Physical | Vocal | Mental | Group

  /** Warm-up identifiers are UUIDs; any type with equality would do. */
  type Uuid = nat

  datatype WarmUp = WarmUp(id: Uuid, name: string, category: WarmUpCategory, description: string,
                           howToPlay: string, variations: seq<string>, tips: seq<string>)

  datatype SuggestionCategory = SuggestionCategory(id: string, name: string, icon: string, suggestions: seq<string>)
}
