/** `types.Labels`: a label key mapped to the list of accepted values. A nil map
    ("unset") is distinct from an empty one, so a label set is an Option. */
module LabelSets {
  import opened Wrappers
  import opened Constants

  type LabelMap = map<string, seq<string>>

  type Labels = Option<LabelMap>

  /** `{"*": ["*"]}`: matches every resource. */
  const WildcardLabels: LabelMap := map[Wildcard := [Wildcard]]

  /** Go's `len` of a label map: a nil map has length zero. */
  function Len(l: Labels): nat {
    match l
    case None => 0
    case Some(m) => |m|
  }

  /** `utils.CopyStrings`: a fresh slice with the same elements. */
  function CopyStrings(s: seq<string>): (r: seq<string>)
    ensures r == s
  {
    if |s| == 0 then [] else [s[0]] + CopyStrings(s[1..])
  }

  /** `Labels.Clone`: a deep copy. Unset stays unset; a set map is copied key by
      key, so the clone equals the original as a value. */
  function Clone(l: Labels): (r: Labels)
    ensures r.None? <==> l.None?
    ensures r == l
  {
    match l
    case None => None
    case Some(m) =>
      var c := map k | k in m :: CopyStrings(m[k]);
      assert c.Keys == m.Keys;
      assert forall k | k in m :: c[k] == m[k];
      assert c == m;
      Some(c)
  }

  /** The selector rule applied to allow label maps: no key may be `*` unless its
      value list is exactly `["*"]`. Stated key by key as the source loops. */
  predicate WildcardSelectorOk(l: Labels) {
    l.Some? ==>
      forall key :: key in l.value ==>
        !(key == Wildcard && !(|l.value[key]| == 1 && l.value[key][0] == Wildcard))
  }

  /** The selector rule as a statement about the one key `*`: unset, no `*`
      key, or `*` mapped to exactly `["*"]`. */
  predicate SelectorValid(l: Labels) {
    l.None? || Wildcard !in l.value || l.value[Wildcard] == [Wildcard]
  }

  /** The key-by-key loop only ever concerns the one key `*`. */
  lemma WildcardSelectorOkIff(l: Labels)
    ensures WildcardSelectorOk(l) <==> SelectorValid(l)
  {
    if l.Some? && Wildcard in l.value && l.value[Wildcard] != [Wildcard] {
      assert !(|l.value[Wildcard]| == 1 && l.value[Wildcard][0] == Wildcard);
    }
  }
}
