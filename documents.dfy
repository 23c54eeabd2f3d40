/** Stored project documents and the two single-document writes the mutation endpoints issue:
    `update_one` with a `$set` of every schema field, and `delete_one`, each addressed by id. */
module Documents {
  import opened Schemas
  import opened ObjectIds

  /** A project document: its store-assigned id and its schema fields. */
  datatype Record = Record(id: string, project: Project)

  /** The store encodes integers as signed 64-bit values; a Python integer outside that range
      makes encoding the document fail, so the write raises and nothing is written. */
  const INT64_MIN: int := -0x8000_0000_0000_0000
  const INT64_MAX: int := 0x7FFF_FFFF_FFFF_FFFF

  /** The project's only integer field fits the store's 64-bit encoding. */
  predicate Encodable(p: Project) {
    INT64_MIN <= p.order <= INT64_MAX
  }

  /** What a single-document write leaves behind and how many documents it matched. */
  datatype WriteResult = WriteResult(records: seq<Record>, count: nat)

  predicate HasId(rs: seq<Record>, key: string) {
    exists i :: 0 <= i < |rs| && rs[i].id == key
  }

  predicate DistinctIds(rs: seq<Record>) {
    forall i, j :: 0 <= i < j < |rs| ==> rs[i].id != rs[j].id
  }

  /** The collection's invariant: ids are unique and in canonical form. */
  predicate WellFormed(rs: seq<Record>) {
    DistinctIds(rs) && forall i :: 0 <= i < |rs| ==> IsCanonicalId(rs[i].id)
  }

  /** The position of the first document with id `key`. */
  function FirstIndex(rs: seq<Record>, key: string): (k: nat)
    requires HasId(rs, key)
    ensures k < |rs| && rs[k].id == key
    ensures forall j :: 0 <= j < k ==> rs[j].id != key
  {
    if rs[0].id == key then 0
    else
      assert exists i :: 0 <= i < |rs[1..]| && rs[1..][i].id == key by {
        var i :| 0 <= i < |rs| && rs[i].id == key;
        assert rs[1..][i - 1].id == key;
      }
      1 + FirstIndex(rs[1..], key)
  }

  /** `update_one({"_id": key}, {"$set": p})`: the first document with that id gets every
      schema field from `p` and keeps its id; the count is the number matched (0 or 1). */
  function UpdateOne(rs: seq<Record>, key: string, p: Project): (w: WriteResult)
    ensures w.count == if HasId(rs, key) then 1 else 0
    ensures HasId(rs, key) ==>
              w.records == rs[FirstIndex(rs, key) := Record(rs[FirstIndex(rs, key)].id, p)]
    ensures !HasId(rs, key) ==> w.records == rs
  {
    if rs == [] then WriteResult([], 0)
    else if rs[0].id == key then WriteResult([Record(rs[0].id, p)] + rs[1..], 1)
    else
      var rest := UpdateOne(rs[1..], key, p);
      assert HasId(rs, key) <==> HasId(rs[1..], key) by {
        if HasId(rs, key) {
          var i :| 0 <= i < |rs| && rs[i].id == key;
          assert rs[1..][i - 1].id == key;
        }
      }
      WriteResult([rs[0]] + rest.records, rest.count)
  }

  /** Past a first document that does not match, the match (if any) lies in the rest, one
      position further on, and removing it is removing it from the rest. */
  lemma DeleteStep(rs: seq<Record>, key: string)
    requires rs != [] && rs[0].id != key
    ensures HasId(rs, key) <==> HasId(rs[1..], key)
    ensures HasId(rs, key) ==>
              FirstIndex(rs, key) == FirstIndex(rs[1..], key) + 1
              && rs[..FirstIndex(rs, key)] + rs[FirstIndex(rs, key) + 1..]
                 == [rs[0]] + (rs[1..][..FirstIndex(rs[1..], key)] + rs[1..][FirstIndex(rs[1..], key) + 1..])
  {
    if HasId(rs, key) {
      var i :| 0 <= i < |rs| && rs[i].id == key;
      assert rs[1..][i - 1].id == key;
      var k := FirstIndex(rs, key);
      var k' := FirstIndex(rs[1..], key);
      assert k == k' + 1;
      DropAfterHead(rs, k);
    }
  }

  /** Removing position `k >= 1` keeps the head and removes position `k - 1` of the tail. */
  lemma DropAfterHead(rs: seq<Record>, k: nat)
    requires 1 <= k < |rs|
    ensures rs[..k] + rs[k + 1..] == [rs[0]] + (rs[1..][..k - 1] + rs[1..][k..])
  {
    assert rs[..k] == [rs[0]] + rs[1..][..k - 1];
    assert rs[k + 1..] == rs[1..][k..];
  }

  /** `delete_one({"_id": key})`: the first document with that id is removed and the others
      stay in their order; the count is the number deleted (0 or 1). */
  function DeleteOne(rs: seq<Record>, key: string): (w: WriteResult)
    ensures w.count == if HasId(rs, key) then 1 else 0
    ensures HasId(rs, key) ==>
              w.records == rs[..FirstIndex(rs, key)] + rs[FirstIndex(rs, key) + 1..]
    ensures !HasId(rs, key) ==> w.records == rs
  {
    if rs == [] then WriteResult([], 0)
    else if rs[0].id == key then WriteResult(rs[1..], 1)
    else
      var rest := DeleteOne(rs[1..], key);
      DeleteStep(rs, key);
      WriteResult([rs[0]] + rest.records, rest.count)
  }

  /** In a well-formed collection an update changes only the addressed document: it keeps its
      id and takes the new fields, every other document is as it was, and the collection stays
      well-formed. */
  lemma UpdateChangesOnlyTarget(rs: seq<Record>, key: string, p: Project)
    requires WellFormed(rs) && HasId(rs, key)
    ensures |UpdateOne(rs, key, p).records| == |rs|
    ensures forall i :: 0 <= i < |rs| && rs[i].id == key ==>
              UpdateOne(rs, key, p).records[i] == Record(key, p)
    ensures forall i :: 0 <= i < |rs| && rs[i].id != key ==>
              UpdateOne(rs, key, p).records[i] == rs[i]
    ensures WellFormed(UpdateOne(rs, key, p).records)
  {
  }

  /** Removing the document at position `k` from a well-formed collection leaves a
      well-formed collection in which no document has the removed one's id. */
  lemma RemoveAtKeepsWellFormed(rs: seq<Record>, k: nat)
    requires WellFormed(rs) && k < |rs|
    ensures WellFormed(rs[..k] + rs[k + 1..])
    ensures !HasId(rs[..k] + rs[k + 1..], rs[k].id)
  {
  }

  /** Removing position `k` takes exactly one copy of `rs[k]` out of the multiset. */
  lemma RemoveAtMultiset(rs: seq<Record>, k: nat)
    requires k < |rs|
    ensures multiset(rs[..k] + rs[k + 1..]) + multiset{rs[k]} == multiset(rs)
    ensures |rs[..k] + rs[k + 1..]| == |rs| - 1
  {
    assert rs == rs[..k] + [rs[k]] + rs[k + 1..];
  }

  /** In a well-formed collection a delete removes exactly the addressed document: no document
      with that id remains, the removed one is gone from the multiset of documents and nothing
      else is, and the collection stays well-formed. */
  lemma DeleteRemovesOnlyTarget(rs: seq<Record>, key: string)
    requires WellFormed(rs) && HasId(rs, key)
    ensures !HasId(DeleteOne(rs, key).records, key)
    ensures multiset(DeleteOne(rs, key).records) + multiset{rs[FirstIndex(rs, key)]} == multiset(rs)
    ensures |DeleteOne(rs, key).records| == |rs| - 1
    ensures WellFormed(DeleteOne(rs, key).records)
  {
    var k := FirstIndex(rs, key);
    assert rs[k].id == key;
    assert DeleteOne(rs, key).records == rs[..k] + rs[k + 1..];
    RemoveAtKeepsWellFormed(rs, k);
    RemoveAtMultiset(rs, k);
  }
}
