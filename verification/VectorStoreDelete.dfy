/** What `FaissVectorStore.delete_by_document` removes and keeps. */
module VectorStoreDelete {
  import opened Collections
  import opened VectorStore

  lemma {:induction false} RemoveIdsMembers(index: seq<Entry>, ids: seq<nat>)
    ensures forall e :: e in RemoveIds(index, ids) <==> e in index && e.id !in ids
  {
    if index != [] {
      var init, last := index[..|index| - 1], index[|index| - 1];
      assert index == init + [last];
      RemoveIdsMembers(init, ids);
    }
  }

  lemma {:induction false} RemoveIdsColumn(index: seq<Entry>, ids: seq<nat>)
    ensures Ids(RemoveIds(index, ids)) == WithoutAll(Ids(index), ids)
  {
    if index != [] {
      var init, last := index[..|index| - 1], index[|index| - 1];
      assert index == init + [last];
      RemoveIdsColumn(init, ids);
      IdsAppend(init, last);
      IdsAppend(RemoveIds(init, ids), last);
      assert Ids(index)[..|index| - 1] == Ids(init);
    }
  }

  lemma {:induction false} OfDocumentSpec(order: seq<nat>, at: map<nat, ChunkRecord>, documentId: string)
    ensures forall id :: id in OfDocument(order, at, documentId) <==>
                         id in order && id in at && at[id].documentId == documentId
    ensures NoDup(order) ==> NoDup(OfDocument(order, at, documentId))
  {
    if order != [] {
      var init, last := order[..|order| - 1], order[|order| - 1];
      assert order == init + [last];
      OfDocumentSpec(init, at, documentId);
      NoDupAppend(init, last);
      NoDupAppend(OfDocument(init, at, documentId), last);
    }
  }

  /** The three dictionaries after forgetting `ids`. */
  ghost predicate Forgotten(st: Store, after: Store, ids: seq<nat>) {
    && after.index == st.index && after.nextId == st.nextId
    && RecordsForgotten(st, after, ids)
    && ChunksForgotten(st, after, ids)
    && HashesForgotten(st, after, ids)
  }

  ghost predicate RecordsForgotten(st: Store, after: Store, ids: seq<nat>) {
    && after.records.Valid()
    && after.records.at == map id | id in st.records.at && id !in ids :: st.records.at[id]
  }

  ghost predicate ChunksForgotten(st: Store, after: Store, ids: seq<nat>) {
    after.idByChunk == map c | c in st.idByChunk && st.idByChunk[c] !in ids :: st.idByChunk[c]
  }

  ghost predicate HashesForgotten(st: Store, after: Store, ids: seq<nat>) {
    after.idByHash == map h | h in st.idByHash && !Dropped(st, h, ids) :: st.idByHash[h]
  }

  /** The hash entry `h` points at a record of `ids` that carries `h`. */
  predicate Dropped(st: Store, h: string, ids: seq<nat>)
    requires h in st.idByHash
  {
    var id := st.idByHash[h];
    id in ids && id in st.records.at && st.records.at[id].contentHash == h
  }

  lemma ForgetOneRecord(st: Store, mid: Store, ids: seq<nat>, id: nat)
    requires RecordsForgotten(st, mid, ids)
    requires id in st.records.at && id !in ids
    ensures id in mid.records.at && mid.records.at[id] == st.records.at[id]
    ensures RecordsForgotten(st, ForgetOne(mid, id), ids + [id])
  {
    mid.records.RemoveValid(id);
    assert forall i :: i in ids + [id] <==> i in ids || i == id;
  }

  lemma ForgetOneChunk(st: Store, mid: Store, ids: seq<nat>, id: nat)
    requires RecordsInv(st) && ChunksForgotten(st, mid, ids)
    requires id in st.records.at && id in mid.records.at && mid.records.at[id] == st.records.at[id]
    ensures ChunksForgotten(st, ForgetOne(mid, id), ids + [id])
  {
    assert forall i :: i in ids + [id] <==> i in ids || i == id;
  }

  lemma ForgetOneHash(st: Store, mid: Store, ids: seq<nat>, id: nat)
    requires HashesForgotten(st, mid, ids)
    requires id in st.records.at && id in mid.records.at && mid.records.at[id] == st.records.at[id]
    ensures HashesForgotten(st, ForgetOne(mid, id), ids + [id])
  {
    assert forall i :: i in ids + [id] <==> i in ids || i == id;
    var h' := st.records.at[id].contentHash;
    forall h | h in st.idByHash && h != h'
      ensures Dropped(st, h, ids + [id]) <==> Dropped(st, h, ids) {
    }
  }

  lemma {:induction false} ForgetAllSpec(st: Store, ids: seq<nat>)
    requires RecordsInv(st) && NoDup(ids)
    requires forall id | id in ids :: id in st.records.at
    ensures Forgotten(st, ForgetAll(st, ids), ids)
  {
    if ids == [] {
      assert st.records.at == map id | id in st.records.at && id !in ids :: st.records.at[id];
      assert st.idByChunk == map c | c in st.idByChunk && st.idByChunk[c] !in ids :: st.idByChunk[c];
    } else {
      var init, last := ids[..|ids| - 1], ids[|ids| - 1];
      assert ids == init + [last];
      NoDupAppend(init, last);
      ForgetAllSpec(st, init);
      var mid := ForgetAll(st, init);
      ForgetOneRecord(st, mid, init, last);
      ForgetOneChunk(st, mid, init, last);
      ForgetOneHash(st, mid, init, last);
    }
  }

  /** Deleting a document removes exactly its records, their index rows and chunk ids, and the hash
      entries that pointed at them; the result counts the removed records. */
  ghost predicate Deleted(st: Store, after: Store, count: nat, documentId: string) {
    && after.nextId == st.nextId
    && after.records.at == (map id | id in st.records.at && !OfDoc(st, id, documentId) :: st.records.at[id])
    && after.idByChunk == (map c | c in st.idByChunk && !OfDoc(st, st.idByChunk[c], documentId) :: st.idByChunk[c])
    && (forall e :: e in after.index <==> e in st.index && !OfDoc(st, e.id, documentId))
    && (forall h | h in after.idByHash :: h in st.idByHash && after.idByHash[h] == st.idByHash[h])
    && count == |DocumentSet(st, documentId)|
  }

  /** The ids to remove are those of the document's records, once each. */
  lemma DocumentIds(st: Store, documentId: string)
    requires st.records.Valid()
    ensures NoDup(IdsOfDocument(st, documentId))
    ensures forall id :: id in IdsOfDocument(st, documentId) <==> OfDoc(st, id, documentId)
    ensures |IdsOfDocument(st, documentId)| == |DocumentSet(st, documentId)|
  {
    var ids := IdsOfDocument(st, documentId);
    OfDocumentSpec(st.records.order, st.records.at, documentId);
    CountNoDup(ids);
    assert DocumentSet(st, documentId) == ToSet(ids);
  }

  lemma DeleteForgets(st: Store, documentId: string)
    requires RecordsInv(st)
    ensures var ids, after := IdsOfDocument(st, documentId), Delete(st, documentId).0;
      Forgotten(st.(index := RemoveIds(st.index, ids)), after, ids)
  {
    var ids := IdsOfDocument(st, documentId);
    var cut := st.(index := RemoveIds(st.index, ids));
    DocumentIds(st, documentId);
    ForgetAllSpec(cut, ids);
    if ids == [] {
      NothingToRemove(st.index);
      assert cut == st;
    }
  }

  lemma {:induction false} NothingToRemove(index: seq<Entry>)
    ensures RemoveIds(index, []) == index
  {
    if index != [] {
      NothingToRemove(index[..|index| - 1]);
    }
  }

  lemma ForgottenKeepsRecords(st: Store, after: Store, ids: seq<nat>)
    requires RecordsInv(st) && Forgotten(st, after, ids)
    ensures RecordsInv(after)
  {
  }

  lemma ForgottenIsDeleted(st: Store, after: Store, ids: seq<nat>, documentId: string)
    requires Forgotten(st.(index := RemoveIds(st.index, ids)), after, ids)
    requires forall id :: id in ids <==> OfDoc(st, id, documentId)
    requires |ids| == |DocumentSet(st, documentId)|
    ensures Deleted(st, after, |ids|, documentId)
  {
    hide OfDoc, DocumentSet, RemoveIds;
    RemoveIdsMembers(st.index, ids);
    assert after.records.at == map id | id in st.records.at && !OfDoc(st, id, documentId) :: st.records.at[id];
    assert after.idByChunk ==
      map c | c in st.idByChunk && !OfDoc(st, st.idByChunk[c], documentId) :: st.idByChunk[c];
  }

  lemma DeleteSpec(st: Store, documentId: string)
    requires RecordsInv(st)
    ensures RecordsInv(Delete(st, documentId).0)
    ensures Deleted(st, Delete(st, documentId).0, Delete(st, documentId).1, documentId)
  {
    var ids := IdsOfDocument(st, documentId);
    DocumentIds(st, documentId);
    DeleteForgets(st, documentId);
    assert Delete(st, documentId).1 == |ids|;
    assert RecordsInv(st.(index := RemoveIds(st.index, ids)));
    hide *;
    ForgottenKeepsRecords(st.(index := RemoveIds(st.index, ids)), Delete(st, documentId).0, ids);
    ForgottenIsDeleted(st, Delete(st, documentId).0, ids, documentId);
  }

  /** Deletion keeps the invariant and drops a hash exactly when its entry points into the document. */
  lemma DeleteKeepsInv(st: Store, documentId: string)
    requires Inv(st)
    ensures Inv(Delete(st, documentId).0)
    ensures forall h | h in st.idByHash ::
      h in Delete(st, documentId).0.idByHash <==> !OfDoc(st, st.idByHash[h], documentId)
  {
    var ids := IdsOfDocument(st, documentId);
    DeleteSpec(st, documentId);
    DocumentIds(st, documentId);
    DeleteForgets(st, documentId);
    RemoveIdsColumn(st.index, ids);
    WithoutAllSpec(Ids(st.index), ids);
  }
}
