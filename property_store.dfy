/**
 * The in-memory listing store shared by the whole application. It starts as the seed
 * list; `addProperty` puts a record in front, `deleteProperty` drops every record
 * with a given id. Nothing is persisted.
 */
module PropertyStore {
  import opened Types
  import opened Seqs
  import MockData

  /** The predicate `deleteProperty` filters with: the record's id differs from `id`. */
  function OtherThan(id: string): Property -> bool {
    (p: Property) => p.id != id
  }

  /** The store after `deleteProperty(id)`. */
  function WithoutId(s: seq<Property>, id: string): seq<Property> {
    Filter(s, OtherThan(id))
  }

  class PropertyProvider {
    var properties: seq<Property>

    /** The provider mounts with the seed list. */
    constructor ()
      ensures properties == MockData.Properties
    {
      properties := MockData.Properties;
    }

    /** `addProperty(p)`: prepend `p`; no check of any kind is made. */
    method AddProperty(p: Property)
      modifies this
      ensures properties == [p] + old(properties)
    {
      properties := [p] + properties;
    }

    /** `deleteProperty(id)`: keep the records whose id differs from `id`. */
    method DeleteProperty(id: string)
      modifies this
      ensures properties == WithoutId(old(properties), id)
    {
      properties := WithoutId(properties, id);
    }
  }

  /** Adding grows the store by one and keeps every earlier record, in order, behind the new one. */
  lemma AddKeepsOrder(s: seq<Property>, p: Property)
    ensures |[p] + s| == |s| + 1
    ensures ([p] + s)[0] == p && ([p] + s)[1..] == s
    ensures IsSubsequence(s, [p] + s)
  {
    SubsequenceReflexive(s);
    SubsequenceOfCons(s, p, s);
  }

  /** Adding checks nothing: a record whose id is already present is still inserted, and the ids are then no longer unique. */
  lemma AddAcceptsDuplicateId(s: seq<Property>, p: Property, k: nat)
    requires k < |s| && s[k].id == p.id
    ensures p in [p] + s
    ensures !UniqueIds([p] + s)
  {
    assert ([p] + s)[0].id == ([p] + s)[k + 1].id;
  }

  /** Adding a record keeps the ids unique exactly when its id is new. */
  lemma AddUniqueIff(s: seq<Property>, p: Property)
    requires UniqueIds(s)
    ensures UniqueIds([p] + s) <==> p.id !in Ids(s)
  {
    if p.id in Ids(s) {
      var k :| 0 <= k < |s| && Ids(s)[k] == p.id;
      AddAcceptsDuplicateId(s, p, k);
    } else {
      forall i, j | 0 <= i < j < |[p] + s| ensures ([p] + s)[i].id != ([p] + s)[j].id {
        if i == 0 {
          assert Ids(s)[j - 1] == s[j - 1].id;
        }
      }
    }
  }

  /**
   * After a delete no record carries the id, every record with another id is still there,
   * and the result is a subsequence of the old store (the order of what is kept is unchanged).
   */
  lemma {:induction false} DeleteSpec(s: seq<Property>, id: string)
    ensures forall k :: 0 <= k < |WithoutId(s, id)| ==> WithoutId(s, id)[k].id != id
    ensures forall k :: 0 <= k < |s| && s[k].id != id ==> s[k] in WithoutId(s, id)
    ensures IsSubsequence(WithoutId(s, id), s)
  {
    FilterIsSubsequence(s, OtherThan(id));
    FilterMembers(s, OtherThan(id));
    forall k | 0 <= k < |WithoutId(s, id)| ensures WithoutId(s, id)[k].id != id {
      assert OtherThan(id)(WithoutId(s, id)[k]);
    }
    forall k | 0 <= k < |s| && s[k].id != id ensures s[k] in WithoutId(s, id) {
      assert OtherThan(id)(s[k]);
    }
  }

  /** Deleting an absent id changes nothing; deleting an id twice is the same as deleting it once. */
  lemma {:induction false} DeleteAbsentAndIdempotent(s: seq<Property>, id: string)
    ensures id !in Ids(s) ==> WithoutId(s, id) == s
    ensures WithoutId(WithoutId(s, id), id) == WithoutId(s, id)
  {
    if id !in Ids(s) {
      forall k | 0 <= k < |s| ensures OtherThan(id)(s[k]) {
        assert Ids(s)[k] == s[k].id;
      }
      FilterKeepsAll(s, OtherThan(id));
    }
    FilterIdempotent(s, OtherThan(id));
  }

  /** Adding a record with a fresh id and then deleting that id restores the store. */
  lemma {:induction false} AddThenDeleteRestores(s: seq<Property>, p: Property)
    requires p.id !in Ids(s)
    ensures WithoutId([p] + s, p.id) == s
  {
    FilterConcat([p], s, OtherThan(p.id));
    assert Filter([p], OtherThan(p.id)) == [];
    DeleteAbsentAndIdempotent(s, p.id);
  }

  /** In a store with unique ids, deleting a present id removes exactly one record. */
  lemma {:induction false} DeleteRemovesExactlyOne(s: seq<Property>, id: string)
    requires UniqueIds(s)
    requires id in Ids(s)
    ensures |WithoutId(s, id)| == |s| - 1
  {
    assert Ids(s)[0] == s[0].id;
    if s[0].id == id {
      forall j | 0 <= j < |s[1..]| ensures OtherThan(id)(s[1..][j]) {
        assert s[1..][j] == s[j + 1];
      }
      FilterKeepsAll(s[1..], OtherThan(id));
    } else {
      var k :| 0 <= k < |s| && Ids(s)[k] == id;
      assert Ids(s[1..])[k - 1] == s[k].id;
      DeleteRemovesExactlyOne(s[1..], id);
    }
  }

  /** Deleting keeps a store free of duplicate ids, and keeps every record well formed if they all were. */
  lemma {:induction false} DeletePreservesInvariants(s: seq<Property>, id: string)
    ensures UniqueIds(s) ==> UniqueIds(WithoutId(s, id))
    ensures (forall k :: 0 <= k < |s| ==> WellFormed(s[k])) ==>
      forall k :: 0 <= k < |WithoutId(s, id)| ==> WellFormed(WithoutId(s, id)[k])
  {
    FilterMembers(s, OtherThan(id));
    if s != [] {
      DeletePreservesInvariants(s[1..], id);
      if UniqueIds(s) {
        assert UniqueIds(s[1..]);
        if s[0].id != id {
          var r := WithoutId(s[1..], id);
          assert WithoutId(s, id) == [s[0]] + r;
          FilterMembers(s[1..], OtherThan(id));
          forall k | 0 <= k < |r| ensures r[k].id != s[0].id {
            var j :| 0 <= j < |s[1..]| && s[1..][j] == r[k];
            assert s[j + 1] == r[k];
          }
        }
      }
    }
  }
}
