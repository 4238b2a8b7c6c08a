/** chatblade/utils.py: merging option dictionaries. */
module Utils {
  import opened Values

  /** `merge_dicts(dict1, dict2)`: `dict2` wins, but only keys known by `dict1`
      survive, and no key is kept whose merged value is `None`. */
  function MergeDicts(dict1: Dict, dict2: Dict): (r: Dict)
    ensures r.Keys <= dict1.Keys
    ensures forall k :: k in r ==> r[k] != Null
    ensures forall k :: k in dict1 && k in dict2 && dict2[k] != Null ==> k in r && r[k] == dict2[k]
    ensures forall k :: k in dict1 && k !in dict2 && dict1[k] != Null ==> k in r && r[k] == dict1[k]
    ensures forall k :: k in dict2 && dict2[k] == Null ==> k !in r
  {
    var merged := dict1 + dict2;
    map k | k in merged && merged[k] != Null && k in dict1 :: merged[k]
  }

  /** Which keys survive a merge: exactly the keys of `dict1` whose winning value is not `None`. */
  lemma MergeKeys(dict1: Dict, dict2: Dict)
    ensures forall k :: k in MergeDicts(dict1, dict2) <==>
      k in dict1 && (if k in dict2 then dict2[k] != Null else dict1[k] != Null)
  {
  }

  /** Merging twice with the same override changes nothing more. */
  lemma MergeIdempotent(dict1: Dict, dict2: Dict)
    ensures MergeDicts(MergeDicts(dict1, dict2), dict2) == MergeDicts(dict1, dict2)
  {
    var once := MergeDicts(dict1, dict2);
    var twice := MergeDicts(once, dict2);
    assert twice.Keys == once.Keys;
  }

  /** An empty override only removes the `None` values. */
  lemma MergeWithNothing(dict1: Dict)
    ensures MergeDicts(dict1, map[]) == DropNone(dict1)
  {
  }
}
