/**
 * The category fallbacks (`src/services/categoryFallbacks.ts`): substitute category slugs to
 * try when a requested category does not exist, and a list of slugs every catalogue is
 * expected to have.
 */
module CategoryFallbacks {
  import opened JsValue

  /** `FALLBACK_CATEGORIES`: each generic slug with the slugs to try in its place, in order. */
  const FallbackTable: map<string, seq<string>> := map[
    "engine-parts" := ["moteur", "engine", "drivetrain"],
    "brakes-suspension" := ["freinage", "brakes", "suspension"],
    "electrical" := ["eclairage", "electronics", "lighting"],
    "tires-wheels" := ["tires", "wheels", "rims"],
    "moto-parts" := ["pieces-moto", "motorcycle", "moto"],
    "engine-drivetrain" := ["moteur", "transmission", "engine"],
    "power-tools" := ["tools", "equipment", "garage"],
    "hand-tools" := ["tools", "equipment", "hand"],
    "plumbing" := ["filtration", "cooling", "fluids"]
  ]

  /** `COMMON_AUTO_PARTS_CATEGORIES`. */
  const CommonCategories: seq<string> := ["moteur", "freinage", "suspension", "filtration",
    "eclairage", "carrosserie", "echappement", "transmission", "pieces-auto", "pieces-moto", "tools"]

  /** Every list of the table holds three distinct slugs. */
  lemma TableShape()
    ensures forall slug :: slug in FallbackTable ==> |FallbackTable[slug]| == 3 && Distinct(FallbackTable[slug])
  {
  }

  /**
   * `getCategoryFallbacks`: the table's list for a slug it has, else `[]`. An array is truthy
   * even when empty, so `|| []` only catches a missing slug.
   */
  function CategoryFallbacksOf(slug: string): (r: seq<string>)
    ensures slug in FallbackTable ==> r == FallbackTable[slug]
    ensures slug !in FallbackTable ==> r == []
  {
    if slug in FallbackTable then FallbackTable[slug] else []
  }

  /** A slug has fallbacks exactly when the table lists it. */
  lemma HasFallbacksIffListed(slug: string)
    ensures |CategoryFallbacksOf(slug)| > 0 <==> slug in FallbackTable
  {
    TableShape();
  }

  /** The engine-parts category falls back to the engine categories. */
  lemma EnginePartsFallbacks()
    ensures CategoryFallbacksOf("engine-parts") == ["moteur", "engine", "drivetrain"]
  {
  }

  /** `getSafeCategoryList`: the eleven common slugs, each once. */
  function SafeCategoryList(): (r: seq<string>)
    ensures |r| == 11 && Distinct(r)
    ensures r == CommonCategories
  {
    CommonCategories
  }
}
