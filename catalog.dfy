/** The fixed class catalog `allClasses` of `generateRecommendedClasses`, in definition
    order. Each entry keeps its object key and its `categories` (the tags scoring looks
    at); the display name and description are payload the engine never inspects. */
module Catalog {

  datatype ClassEntry = ClassEntry(key: string, categories: seq<string>)

  const Classes: seq<ClassEntry> :=
    [
      ClassEntry("align_flow_yoga", ["flexibility", "recovery", "mindfulness", "beginner_friendly"]),
      ClassEntry("body_sculpt", ["strength", "toning", "full_body", "beginner_friendly"]),
      ClassEntry("belly_dance", ["fun", "coordination", "beginner_friendly", "low_impact"]),
      ClassEntry("cardio_crush", ["cardio", "high_energy", "variety", "weight_loss"]),
      ClassEntry("core_n_more", ["core", "strength", "stability", "beginner_friendly"]),
      ClassEntry("cycling_plus", ["cardio", "strength", "high_intensity", "full_body"]),
      ClassEntry("dynamic_pilates", ["flexibility", "core", "balance", "mindfulness", "beginner_friendly"]),
      ClassEntry("hiit_cycle", ["cardio", "high_intensity", "weight_loss", "advanced"]),
      ClassEntry("hirt", ["strength", "high_intensity", "muscle_gain", "advanced"]),
      ClassEntry("lunchtime_yoga", ["flexibility", "time_efficient", "stress_relief", "beginner_friendly"]),
      ClassEntry("mat_pilates", ["flexibility", "strength", "toning", "beginner_friendly"]),
      ClassEntry("power_up", ["strength", "core", "full_body", "intermediate"]),
      ClassEntry("power_yoga", ["flexibility", "strength", "advanced", "challenging"]),
      ClassEntry("reformer_pilates", ["flexibility", "strength", "beginner_friendly", "premium"]),
      ClassEntry("ride_sculpt", ["cardio", "strength", "low_impact", "full_body"]),
      ClassEntry("strong_start", ["strength", "morning", "beginner_friendly", "full_body"]),
      ClassEntry("step_it_up", ["cardio", "coordination", "variety", "intermediate"]),
      ClassEntry("sunrise_yoga", ["flexibility", "morning", "mindfulness", "beginner_friendly"]),
      ClassEntry("total_body", ["strength", "cardio", "full_body", "weight_loss", "intermediate"]),
      ClassEntry("wake_up_yoga", ["flexibility", "morning", "energy", "beginner_friendly"]),
      ClassEntry("wind_down_yoga", ["flexibility", "stress_relief", "recovery", "beginner_friendly"]),
      ClassEntry("xtreme_bootcamp", ["high_intensity", "challenging", "advanced", "full_body"])
    ]

  /** The position of a class in the catalog, which is also its position in
      `Object.keys(scores)`. */
  type Position = p: nat | p < |Classes|

  /** No key is defined twice, so a catalog position and a class key name the same class. */
  lemma KeysDistinct()
    ensures |Classes| == 22
    ensures forall i, j :: 0 <= i < j < |Classes| ==> Classes[i].key != Classes[j].key
  {
  }

  /** The tag "yoga", which scoring rewards for flexibility, is on no catalog entry. */
  lemma YogaTagUnused()
    ensures forall i :: 0 <= i < |Classes| ==> "yoga" !in Classes[i].categories
  {
  }

  /** Nor is "specialized", which scoring rewards for training five or more days a week. */
  lemma SpecializedTagUnused()
    ensures forall i :: 0 <= i < |Classes| ==> "specialized" !in Classes[i].categories
  {
  }
}
