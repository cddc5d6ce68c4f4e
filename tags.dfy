/** Resource tags of the model package and their conversion to RDS SDK tags. */
module Tags {
  import opened Wrappers

  /** A model tag: a key and a value, both always present. */
  datatype Tag = Tag(key: string, value: string)

  /** An RDS SDK tag: key and value are pointers, so each may be missing. */
  datatype RDSTag = RDSTag(key: Option<string>, value: Option<string>)

  /**
   * `Tags.RDS`: preallocates a slice of the input's length and fills slot k
   * from the k-th model tag.
   */
  method RDS(tags: seq<Tag>) returns (r: seq<RDSTag>)
    ensures |r| == |tags|
    ensures forall k :: 0 <= k < |tags| ==> r[k].key == Some(tags[k].key)
    ensures forall k :: 0 <= k < |tags| ==> r[k].value == Some(tags[k].value)
  {
    var rdsTags := new RDSTag[|tags|](_ => RDSTag(None, None));
    for k := 0 to |tags|
      invariant forall j :: 0 <= j < k ==> rdsTags[j] == RDSTag(Some(tags[j].key), Some(tags[j].value))
    {
      rdsTags[k] := RDSTag(Some(tags[k].key), Some(tags[k].value));
    }
    r := rdsTags[..];
  }
}
