/** `TextSimilarityCache`: a dictionary of text records keyed by their id. */
module SimilarityCache {

  /** The record id (a `Guid` key in the cache). */
  type RecordId = nat

  /** `TextVector` without its embedding. */
  datatype TextVector = TextVector(id: RecordId, labelText: string, remarks: string)

  class TextSimilarityCache {
    var dict: map<RecordId, TextVector>

    /** Every record is stored under its own id, as `Add` stores it. */
    ghost predicate Valid()
      reads this
    {
      forall k :: k in dict ==> dict[k].id == k
    }

    constructor ()
      ensures Valid() && dict == map[]
    {
      dict := map[];
    }

    /** `Add`: `Dictionary.Add` under the record's id. A fresh id stores the
        record and the count rises by one; an id already present throws and
        leaves the dictionary as it was (`added` is false then). */
    method Add(data: TextVector) returns (added: bool)
      requires Valid()
      modifies this
      ensures Valid()
      ensures added <==> data.id !in old(dict)
      ensures added ==> dict == old(dict)[data.id := data] && |dict| == |old(dict)| + 1
      ensures !added ==> dict == old(dict)
    {
      if data.id in dict {
        return false;
      }
      dict := dict[data.id := data];
      added := true;
    }

    /** `Remove`: deletes the entry under `key`, if any; nothing else changes. */
    method Remove(key: RecordId)
      requires Valid()
      modifies this
      ensures Valid()
      ensures dict == old(dict) - {key}
      ensures key !in old(dict) ==> dict == old(dict)
      ensures key in old(dict) ==> |dict| == |old(dict)| - 1
    {
      dict := dict - {key};
    }

    /** `Clear`: leaves the cache empty. */
    method Clear()
      modifies this
      ensures Valid() && dict == map[]
    {
      dict := map[];
    }

    /** `ListAll`: the stored records, one per key, in the dictionary's
        enumeration order (left open here); `keys` names the key behind each. */
    method ListAll() returns (all: seq<TextVector>, ghost keys: seq<RecordId>)
      requires Valid()
      ensures |all| == |keys| == |dict|
      ensures forall i :: 0 <= i < |keys| ==> keys[i] in dict && all[i] == dict[keys[i]] && all[i].id == keys[i]
      ensures forall i, j :: 0 <= i < j < |keys| ==> keys[i] != keys[j]
      ensures forall k :: k in dict <==> k in keys
      ensures forall v :: v in all <==> v in dict.Values
    {
      all, keys := [], [];
      var rest := dict.Keys;
      while rest != {}
        invariant rest <= dict.Keys
        invariant |all| == |keys|
        invariant forall i :: 0 <= i < |keys| ==> keys[i] in dict && keys[i] !in rest && all[i] == dict[keys[i]]
        invariant forall i, j :: 0 <= i < j < |keys| ==> keys[i] != keys[j]
        invariant forall k :: k in dict ==> (k in rest <==> k !in keys)
        invariant |keys| + |rest| == |dict|
        decreases |rest|
      {
        var k :| k in rest;
        all, keys := all + [dict[k]], keys + [k];
        rest := rest - {k};
      }
      forall v | v in dict.Values ensures v in all {
        var k :| k in dict && dict[k] == v;
        var i :| 0 <= i < |keys| && keys[i] == k;
        assert all[i] == v;
      }
    }
  }
}
