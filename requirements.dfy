/**
 * The registry of MCP specification requirements that test markers refer
 * to: for each feature, the requirements it covers, each with a level
 * ("MUST" or "SHOULD") and an identifier.
 */
module Requirements {
  import opened JsonData

  /** One requirement; a requirement declared without an identifier has none. */
  datatype Requirement = Requirement(feature: string, level: string, description: string, id: Option<string> := None)

  const Registry: map<string, seq<Requirement>> := map[
    "prompts/list" := [
      Requirement("prompts/list", "MUST", "Server MUST return a list of available prompts", Some("PROMPTS-LIST-1")),
      Requirement("prompts/list", "MUST", "Each prompt MUST have a name field", Some("PROMPTS-LIST-2")),
      Requirement("prompts/list", "SHOULD", "Server SHOULD support pagination", Some("PROMPTS-LIST-3"))
    ],
    "prompts/get" := [
      Requirement("prompts/get", "MUST", "Server MUST validate prompt name exists", Some("PROMPTS-GET-1")),
      Requirement("prompts/get", "MUST", "Server MUST validate required arguments", Some("PROMPTS-GET-2")),
      Requirement("prompts/get", "MUST", "Server MUST return valid message structure", Some("PROMPTS-GET-3"))
    ],
    "prompts/list_changed" := [
      Requirement("prompts/list_changed", "SHOULD", "Server SHOULD declare listChanged capability", Some("PROMPTS-LIST-CHANGED-1")),
      Requirement("prompts/list_changed", "SHOULD", "Server SHOULD emit notification when list changes", Some("PROMPTS-LIST-CHANGED-2"))
    ],
    "resources/list" := [
      Requirement("resources/list", "MUST", "Server MUST return a valid list of resources", Some("RESOURCES-LIST-1")),
      Requirement("resources/list", "SHOULD", "Server SHOULD support pagination", Some("RESOURCES-LIST-2")),
      Requirement("resources/list", "MUST", "Each resource MUST have required fields", Some("RESOURCES-LIST-3"))
    ],
    "resources/read" := [
      Requirement("resources/read", "MUST", "Server MUST return valid content structure", Some("RESOURCES-READ-1")),
      Requirement("resources/read", "MUST", "Content MIME type MUST match listing", Some("RESOURCES-READ-2")),
      Requirement("resources/read", "MUST", "Server MUST handle errors correctly", Some("RESOURCES-READ-3"))
    ],
    "resources/templates" := [
      Requirement("resources/templates", "MUST", "Server MUST return valid template structure", Some("RESOURCES-TEMPLATES-1")),
      Requirement("resources/templates", "MUST", "Template URIs MUST follow correct format", Some("RESOURCES-TEMPLATES-2")),
      Requirement("resources/templates", "SHOULD", "Template MIME types SHOULD be valid", Some("RESOURCES-TEMPLATES-3"))
    ],
    "resources/list_changed" := [
      Requirement("resources/list_changed", "SHOULD", "Server SHOULD declare listChanged capability", Some("RESOURCES-LIST-CHANGED-1")),
      Requirement("resources/list_changed", "SHOULD", "Server SHOULD emit notification when list changes", Some("RESOURCES-LIST-CHANGED-2"))
    ],
    "resources/subscribe" := [
      Requirement("resources/subscribe", "SHOULD", "Server SHOULD declare subscribe capability", Some("RESOURCES-SUBSCRIBE-1")),
      Requirement("resources/subscribe", "SHOULD", "Server SHOULD handle subscription lifecycle", Some("RESOURCES-SUBSCRIBE-2")),
      Requirement("resources/subscribe", "MUST", "Server MUST handle subscription errors", Some("RESOURCES-SUBSCRIBE-3"))
    ]
  ]


  /** Every requirement is filed under its own feature, with a known level and an identifier. */
  lemma RegistryWellFormed()
    ensures forall f :: f in Registry ==> |Registry[f]| >= 1
    ensures forall f, i :: f in Registry && 0 <= i < |Registry[f]| ==>
              Registry[f][i].feature == f && Registry[f][i].level in {"MUST", "SHOULD"} && Registry[f][i].id.Some?
  {
  }

  /** A requirement declared without an identifier has none. */
  lemma IdDefaultsToNone(feature: string, level: string, description: string)
    ensures Requirement(feature, level, description).id == None
  {
  }

  /**
   * A fingerprint of an identifier: its length, its eleventh character and
   * its last character. Identifiers with different fingerprints differ.
   */
  function Fingerprint(id: string): (int, char, char)
    requires |id| > 10
  {
    (|id|, id[10], id[|id| - 1])
  }

  /** Every requirement has an identifier of more than ten characters. */
  lemma IdsLong()
    ensures forall f, i :: f in Registry && 0 <= i < |Registry[f]| ==>
              Registry[f][i].id.Some? && |Registry[f][i].id.value| > 10
  {
  }

  /** No two requirements share a fingerprint. */
  lemma FingerprintsDistinct()
    ensures forall f1, i, f2, j ::
              (f1 in Registry && f2 in Registry && 0 <= i < |Registry[f1]| && 0 <= j < |Registry[f2]| &&
               Registry[f1][i].id.Some? && Registry[f2][j].id.Some? &&
               |Registry[f1][i].id.value| > 10 && |Registry[f2][j].id.value| > 10 &&
               Fingerprint(Registry[f1][i].id.value) == Fingerprint(Registry[f2][j].id.value))
              ==> f1 == f2 && i == j
  {
  }

  /** No identifier is used by two requirements. */
  lemma IdsUnique()
    ensures forall f1, i, f2, j ::
              (f1 in Registry && f2 in Registry && 0 <= i < |Registry[f1]| && 0 <= j < |Registry[f2]| &&
               Registry[f1][i].id == Registry[f2][j].id)
              ==> f1 == f2 && i == j
  {
    IdsLong();
    FingerprintsDistinct();
  }
}
