/** Kubernetes-style label maps and equality-based label selectors. */
module Labels {

  /** The labels of an object (`BTreeMap<String, String>` in the modelled code). */
  type LabelMap = map<string, string>

  /** An equality-based selector matches a label map when every key it names
      is present with the same value, i.e. the selector is a sub-map. */
  predicate Matches(selector: LabelMap, labels: LabelMap)
  {
    forall k :: k in selector ==> k in labels && labels[k] == selector[k]
  }

  /** The string a Rust `bool` displays as (`bool::to_string`). */
  function BoolString(b: bool): (s: string)
    ensures s == "true" <==> b
    ensures s == "false" <==> !b
  {
    if b then "true" else "false"
  }
}
